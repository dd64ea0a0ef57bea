/** JSON values as the editor's scripts see them after `JSON.parse`, together with
    the JavaScript coercions the scripts rely on: truthiness, property reads and
    the `v || ''` display fallback. */
module JsonValues {

  datatype Option<T> = None | Some(value: T)

  /** A parsed JSON value. Numbers are exact reals (NaN and the infinities are
      not JSON values); objects are finite maps from keys to values. */
  datatype Json =
    | JNull
    | JBool(b: bool)
    | JNum(n: real)
    | JStr(s: string)
    | JArr(items: seq<Json>)
    | JObj(fields: map<string, Json>)

  /** `Boolean(v)`: null, false, 0 and "" are falsy, everything else is truthy. */
  predicate Truthy(v: Json) {
    match v
    case JNull => false
    case JBool(b) => b
    case JNum(n) => n != 0.0
    case JStr(s) => s != ""
    case _ => true
  }

  /** `v.k` on a value that is not null. Only objects carry the keys the editor
      reads; on any other value the read yields `undefined` (None). */
  function Prop(v: Json, k: string): Option<Json> {
    if v.JObj? && k in v.fields then Some(v.fields[k]) else None
  }

  /** Truthiness of a property read that may be `undefined`. */
  predicate TruthyOpt(o: Option<Json>) {
    o.Some? && Truthy(o.value)
  }

  /** `v.k` does not throw: reading a property of `null` is a TypeError. */
  predicate Readable(v: Json) {
    !v.JNull?
  }

  /** `v.k || ''`: the value a table cell displays for key `k`. */
  function Shown(v: Json, k: string): (r: Json)
    ensures Truthy(r) <==> TruthyOpt(Prop(v, k))
    ensures TruthyOpt(Prop(v, k)) ==> Some(r) == Prop(v, k)
    ensures !TruthyOpt(Prop(v, k)) ==> r == JStr("")
  {
    if TruthyOpt(Prop(v, k)) then Prop(v, k).value else JStr("")
  }

  /** `v[k] = x` on an object; the key is added when absent. */
  function Set(v: Json, k: string, x: Json): (r: Json)
    requires v.JObj?
    ensures Prop(r, k) == Some(x)
    ensures forall k' :: k' != k ==> Prop(r, k') == Prop(v, k')
  {
    JObj(v.fields[k := x])
  }
}
