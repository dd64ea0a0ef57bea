/** js/store.js: the `Store` object that owns the document, persists it to local
    storage on every change and notifies its subscribers. Listeners are named by
    an identity; calling one is recorded in the store's delivery log, since what
    a listener does is outside the store. */
module StoreModel {
  import opened JsonValues
  import opened Document
  import opened Edits
  import opened Text

  /** A subscribed listener function, compared by identity. */
  type Listener = nat

  /** `listeners.filter(l => l !== listener)`. */
  function Unsubscribed(ls: seq<Listener>, l: Listener): (r: seq<Listener>)
    ensures l !in r
    ensures forall x :: x != l ==> (x in r <==> x in ls)
    ensures |r| <= |ls|
  {
    if |ls| == 0 then []
    else Unsubscribed(ls[..|ls| - 1], l) + (if ls[|ls| - 1] == l then [] else [ls[|ls| - 1]])
  }

  /** Unsubscribing a listener that was subscribed once restores the list it
      was added to. */
  lemma {:induction false} SubscribeThenUnsubscribe(ls: seq<Listener>, l: Listener)
    requires l !in ls
    ensures Unsubscribed(ls + [l], l) == ls
  {
    assert (ls + [l])[..|ls|] == ls;
    UnsubscribeAbsent(ls, l);
  }

  lemma {:induction false} UnsubscribeAbsent(ls: seq<Listener>, l: Listener)
    requires l !in ls
    ensures Unsubscribed(ls, l) == ls
  {
    if |ls| > 0 {
      UnsubscribeAbsent(ls[..|ls| - 1], l);
      SplitLast(ls);
    }
  }

  /** The calls `listener(state)` that `notify()` makes, in subscription order. */
  function Deliveries(ls: seq<Listener>, d: Doc): (r: seq<(Listener, Doc)>)
    ensures |r| == |ls| && forall i :: 0 <= i < |ls| ==> r[i] == (ls[i], d)
  {
    seq(|ls|, i requires 0 <= i < |ls| => (ls[i], d))
  }

  /** Appending an entity that needs no migration keeps the document normal. */
  lemma AppendedNormal(d: Doc, c: Collection, id: string, ed: Edition)
    requires IsNormal(d, ed)
    ensures IsNormal(Appended(d, c, NewEntity(c, id)), ed)
  {
    NewEntityShape(c, id);
  }

  /** Deleting entities keeps the document normal. */
  lemma KeptNormal(d: Doc, c: Collection, id: string, eq: Equality, ed: Edition)
    requires IsNormal(d, ed)
    ensures IsNormal(WithItems(d, c, Kept(Items(d, c), id, eq)), ed)
  {
    var r := WithItems(d, c, Kept(Items(d, c), id, eq));
    if c == Ingredients {
      forall i | 0 <= i < |r.ingredients| ensures Readable(r.ingredients[i]) && !Migratable(r.ingredients[i]) {
        assert r.ingredients[i] in d.ingredients;
      }
    }
  }

  class Store {
    /** `JSON.parse` and `JSON.stringify`. */
    const parse: string -> Option<Json>
    const stringify: Json -> string
    /** The current document. */
    var state: Doc
    /** The subscribed listeners, in subscription order. */
    var listeners: seq<Listener>
    /** The browser's local storage. */
    var storage: map<string, string>
    /** Every listener call made so far, in order. */
    var delivered: seq<(Listener, Doc)>

    /** The store keeps a normal document. */
    ghost predicate Valid()
      reads this
    {
      IsNormal(state, WithoutRegulations)
    }

    /** The saved draft loads back as the current document. */
    ghost predicate Persisted()
      reads this
    {
      forall today :: LoadDraft(storage, parse, today, WithoutRegulations) == Some(state)
    }

    /** `new Store()`: the saved draft when it loads, otherwise the initial
        document of `today`; no listeners. */
    constructor(saved: map<string, string>, parse: string -> Option<Json>, stringify: Json -> string, today: string)
      ensures Valid()
      ensures this.parse == parse && this.stringify == stringify && storage == saved
      ensures state == (match LoadDraft(saved, parse, today, WithoutRegulations)
                        case Some(d) => d
                        case None => InitialState(today, WithoutRegulations))
      ensures listeners == [] && delivered == []
    {
      this.parse := parse;
      this.stringify := stringify;
      storage := saved;
      listeners := [];
      delivered := [];
      new;
      var loaded := LoadFromStorage(today);
      if loaded.Some? {
        state := loaded.value;
        NormalizeIsNormal(parse(saved[StorageKey]).value, today, WithoutRegulations);
      } else {
        state := InitialState(today, WithoutRegulations);
        InitialIsNormal(today, today, WithoutRegulations);
      }
    }

    /** `loadFromStorage()`: None (null) when nothing is saved, the text does
        not parse, or normalising throws. */
    method LoadFromStorage(today: string) returns (r: Option<Doc>)
      ensures r == LoadDraft(storage, parse, today, WithoutRegulations)
      ensures r.Some? ==> IsNormal(r.value, WithoutRegulations)
    {
      if StorageKey !in storage || storage[StorageKey] == "" {
        return None;
      }
      var parsed := parse(storage[StorageKey]);
      if parsed.None? {
        return None;
      }
      r := NormalizeState(parsed.value, today, WithoutRegulations);
      if r.Some? {
        NormalizeIsNormal(parsed.value, today, WithoutRegulations);
      }
    }

    /** `saveToStorage()`. */
    method SaveToStorage()
      modifies this
      ensures storage == SaveDraft(old(storage), stringify, state)
      ensures state == old(state) && listeners == old(listeners) && delivered == old(delivered)
      ensures RoundTrips(parse, stringify, ToJson(state)) && Valid() ==> Persisted()
    {
      storage := SaveDraft(storage, stringify, state);
      if RoundTrips(parse, stringify, ToJson(state)) && Valid() {
        forall today ensures LoadDraft(storage, parse, today, WithoutRegulations) == Some(state) {
          SaveLoadRoundTrip(old(storage), parse, stringify, state, today, WithoutRegulations);
        }
      }
    }

    /** `notify()`: calls every listener with the current document. */
    method Notify()
      modifies this
      ensures delivered == old(delivered) + Deliveries(listeners, state)
      ensures state == old(state) && listeners == old(listeners) && storage == old(storage)
    {
      var i := 0;
      while i < |listeners|
        invariant 0 <= i <= |listeners|
        invariant state == old(state) && listeners == old(listeners) && storage == old(storage)
        invariant delivered == old(delivered) + Deliveries(listeners[..i], state)
      {
        assert Deliveries(listeners[..i + 1], state) == Deliveries(listeners[..i], state) + [(listeners[i], state)];
        delivered := delivered + [(listeners[i], state)];
        i := i + 1;
      }
      assert listeners[..i] == listeners;
    }

    /** `setState(newState)`: replace, save, notify. */
    method SetState(newState: Doc)
      modifies this
      ensures state == newState && listeners == old(listeners)
      ensures storage == SaveDraft(old(storage), stringify, newState)
      ensures delivered == old(delivered) + Deliveries(listeners, newState)
      ensures RoundTrips(parse, stringify, ToJson(state)) && Valid() ==> Persisted()
    {
      state := newState;
      SaveToStorage();
      Notify();
    }

    /** `clearStorage()`: the key is removed and the initial document is set,
        which saves it again under the same key. */
    method ClearStorage(today: string)
      modifies this
      ensures state == InitialState(today, WithoutRegulations) && Valid()
      ensures storage == SaveDraft(old(storage) - {StorageKey}, stringify, state)
      ensures listeners == old(listeners) && delivered == old(delivered) + Deliveries(listeners, state)
      ensures RoundTrips(parse, stringify, ToJson(state)) ==> Persisted()
    {
      storage := storage - {StorageKey};
      InitialIsNormal(today, today, WithoutRegulations);
      SetState(InitialState(today, WithoutRegulations));
    }

    /** `subscribe(listener)`; the returned closure is `Unsubscribe(listener)`. */
    method Subscribe(l: Listener)
      modifies this
      ensures listeners == old(listeners) + [l]
      ensures state == old(state) && storage == old(storage) && delivered == old(delivered)
    {
      listeners := listeners + [l];
    }

    /** The closure `subscribe` returns: drops every subscription of the listener. */
    method Unsubscribe(l: Listener)
      modifies this
      ensures listeners == Unsubscribed(old(listeners), l)
      ensures state == old(state) && storage == old(storage) && delivered == old(delivered)
    {
      listeners := Unsubscribed(listeners, l);
    }

    /** `addIngredient()`, `addPerformanceParam()`, `addStabilityTest()`,
        `addEquipment()`, `addProcessStep()` and `addQcBlock()`: append the fresh
        entity of the collection, with the id from `generateId()`. */
    method AddItem(c: Collection, newId: string)
      modifies this
      ensures state == Appended(old(state), c, NewEntity(c, newId))
      ensures storage == SaveDraft(old(storage), stringify, state) && listeners == old(listeners)
      ensures delivered == old(delivered) + Deliveries(listeners, state)
      ensures old(Valid()) ==> Valid()
      ensures old(Valid()) && RoundTrips(parse, stringify, ToJson(state)) ==> Persisted()
    {
      if Valid() {
        AppendedNormal(state, c, newId, WithoutRegulations);
      }
      SetState(Appended(state, c, NewEntity(c, newId)));
    }

    /** `deleteItem(collectionName, id)`: only a name that holds an array acts;
        it keeps the entities whose id is not strictly equal to `id`. NotFound:
        the name is not a collection and nothing happens; Failed: the filter
        threw on a null entity and nothing changed. */
    method DeleteItem(collectionName: string, id: string) returns (r: Outcome)
      modifies this
      ensures CollectionNamed(collectionName).None? ==> r == NotFound && state == old(state) && storage == old(storage) && delivered == old(delivered)
      ensures CollectionNamed(collectionName).Some? ==>
        var c := CollectionNamed(collectionName).value;
        match Without(Items(old(state), c), id, Strict)
        case None => r == Failed && state == old(state) && storage == old(storage) && delivered == old(delivered)
        case Some(kept) =>
          && r == Done(state) && state == WithItems(old(state), c, kept)
          && storage == SaveDraft(old(storage), stringify, state)
          && delivered == old(delivered) + Deliveries(listeners, state)
      ensures listeners == old(listeners)
      ensures old(Valid()) ==> Valid()
    {
      var named := CollectionNamed(collectionName);
      if named.None? {
        return NotFound;
      }
      var c := named.value;
      var kept := Without(Items(state, c), id, Strict);
      if kept.None? {
        return Failed;
      }
      if Valid() {
        KeptNormal(state, c, id, Strict, WithoutRegulations);
      }
      SetState(WithItems(state, c, kept.value));
      r := Done(state);
    }
  }

  /** `clearStorage()` does not leave storage empty: reloading afterwards gives
      the initial document of the day it was cleared. */
  lemma ClearedStorageReloads(storage: map<string, string>, parse: string -> Option<Json>, stringify: Json -> string,
                              today: string, later: string)
    requires RoundTrips(parse, stringify, ToJson(InitialState(today, WithoutRegulations)))
    ensures LoadDraft(SaveDraft(storage - {StorageKey}, stringify, InitialState(today, WithoutRegulations)),
                      parse, later, WithoutRegulations) == Some(InitialState(today, WithoutRegulations))
  {
    InitialIsNormal(today, today, WithoutRegulations);
    SaveLoadRoundTrip(storage - {StorageKey}, parse, stringify, InitialState(today, WithoutRegulations), later, WithoutRegulations);
  }
}
