/**
 Flat JSON records as the backend keeps them in its collections, with the two
 object operations it relies on: property lookup (`r.k`, which yields
 `undefined` for a missing key) and the shallow spread merge `{ ...a, ...b }`.
 */
module Json {

  datatype Option<+T> = None | Some(value: T)

  /** A scalar JSON value. Records of this system are flat: no field holds an
      object or an array. Numbers are modelled as integers. */
  datatype Value = Null | Bool(b: bool) | Num(n: int) | Str(s: string)

  /** A record: a map from property names to values. A key that is absent
      plays the role of a property that is `undefined`. */
  type Record = map<string, Value>

  /** `r.k`, with `None` for `undefined`. Strict equality `r.k === v` between
      two such lookups is equality of the options. */
  function Field(r: Record, k: string): Option<Value>
  {
    if k in r then Some(r[k]) else None
  }

  /** A defined string value, as a route parameter or header arrives. */
  function StrKey(s: string): Option<Value>
  {
    Some(Str(s))
  }

  /** JavaScript truthiness, as `if (!x)` and `x || y` read a value. */
  predicate Truthy(v: Option<Value>)
  {
    match v
    case None => false
    case Some(Null) => false
    case Some(Bool(b)) => b
    case Some(Num(n)) => n != 0
    case Some(Str(s)) => s != ""
  }

  /** The shallow merge `{ ...base, ...patch }`: every key of either side is
      present, keys of the patch take the patch's value, and all other keys keep
      the base's value. */
  function Merge(base: Record, patch: Record): (r: Record)
    ensures r.Keys == base.Keys + patch.Keys
    ensures forall k :: k in patch ==> r[k] == patch[k]
    ensures forall k :: k in base && k !in patch ==> r[k] == base[k]
  {
    base + patch
  }

  /** Merging the same patch a second time changes nothing, and merging the
      empty patch changes nothing. */
  lemma MergeIdempotent(base: Record, patch: Record)
    ensures Merge(Merge(base, patch), patch) == Merge(base, patch)
    ensures Merge(base, map[]) == base
  {
  }

  /** A second merge whose patch covers every key of the first patch wipes
      out the first merge. */
  lemma MergeOverridden(base: Record, first: Record, second: Record)
    requires first.Keys <= second.Keys
    ensures Merge(Merge(base, first), second) == Merge(base, second)
  {
  }

  /** `after` agrees with `before` on every key outside `keys`. */
  ghost predicate AgreeExcept(before: Record, after: Record, keys: set<string>)
  {
    forall k :: k !in keys ==> Field(after, k) == Field(before, k)
  }
}
