/**
 * Records as JavaScript objects: a map from property names to values, with a missing
 * property reading as `undefined`. This is the level at which the edit modals work:
 * `a || b` fallbacks on properties and the spread merge `{...a, ...b}`.
 */
module JsObject {
  import opened Wrappers

  /** The values the edited records hold; numbers are exact (no NaN, no rounding). */
  datatype Value =
    | Str(s: string)
    | Num(n: real)
    | Bool(b: bool)
    | DateValue(day: int)
    | Null
    | Undefined
    | List(items: seq<Value>)

  type Obj = map<string, Value>

  /** JavaScript truthiness: "", 0, false, null and undefined are falsy; dates and arrays are truthy. */
  predicate Truthy(v: Value) {
    match v
    case Str(s) => s != ""
    case Num(n) => n != 0.0
    case Bool(b) => b
    case DateValue(_) => true
    case Null => false
    case Undefined => false
    case List(_) => true
  }

  /** `o?.k`: undefined for a null record or a missing property. */
  function Prop(o: Option<Obj>, k: string): (v: Value)
    ensures o.Some? && k in o.value ==> v == o.value[k]
    ensures o.None? || k !in o.value ==> v == Undefined
  {
    if o.Some? && k in o.value then o.value[k] else Undefined
  }

  /** `o?.k || fallback`. */
  function PropOr(o: Option<Obj>, k: string, fallback: Value): (v: Value)
    ensures Truthy(Prop(o, k)) ==> v == Prop(o, k)
    ensures !Truthy(Prop(o, k)) ==> v == fallback
    ensures Truthy(fallback) ==> Truthy(v)
  {
    var p := Prop(o, k);
    if Truthy(p) then p else fallback
  }

  /** `{...a, ...b}` for a possibly null `a`: every property of `b`, and those of `a` that `b` does not set. */
  function Spread(a: Option<Obj>, b: Obj): (r: Obj)
    ensures a.Some? ==> r.Keys == a.value.Keys + b.Keys
    ensures a.None? ==> r == b
    ensures forall k :: k in b ==> k in r && r[k] == b[k]
    ensures forall k :: a.Some? && k in a.value && k !in b ==> k in r && r[k] == a.value[k]
  {
    if a.Some? then a.value + b else b
  }

  /** `{...o, k: v}`, the shape of every change handler of a draft. */
  function With(o: Obj, k: string, v: Value): (r: Obj)
    ensures r.Keys == o.Keys + {k}
    ensures r[k] == v
    ensures forall j :: j in o && j != k ==> r[j] == o[j]
  {
    Spread(Some(o), map[k := v])
  }

  /** Spreading a record over itself changes nothing. */
  lemma SpreadSelf(a: Obj)
    ensures Spread(Some(a), a) == a
  {
  }

  /** Merging a draft that repeats the record's own values gives the record back. */
  lemma SpreadAgreeing(a: Obj, b: Obj)
    requires forall k :: k in b ==> k in a && a[k] == b[k]
    ensures Spread(Some(a), b) == a
  {
  }
}
