/**
 * The loosely typed records the wizards pass around (form values, the contract record, the save
 * payload) and JavaScript's object spread over them.
 */
module Records {
  import opened Wrappers

  /** A field value as far as the wizards look at it: missing, `null`, or a string. */
  datatype JsValue = Undefined | Null | Str(s: string)

  type Record = map<string, JsValue>

  /** JavaScript truthiness of a field value. */
  predicate JsTruthy(v: JsValue) {
    v.Str? && v.s != ""
  }

  /** `x || null` for an optional route parameter. */
  function OrNull(x: Option<string>): JsValue
  {
    if Truthy(x) then Str(x.value) else Null
  }

  /** `record.field`: a missing key reads as `undefined`. */
  function Get(r: Record, key: string): JsValue
  {
    if key in r then r[key] else Undefined
  }

  /** Spreading `null` or `undefined` adds no keys, so an absent record spreads as `{}`. */
  function Spread(r: Option<Record>): Record
  {
    if r.Some? then r.value else map[]
  }

  /**
   * `{...a, ...b}`: every key of either record, with `b`'s value where both have the key.
   */
  function Merge(a: Record, b: Record): (r: Record)
    ensures r.Keys == a.Keys + b.Keys
    ensures forall k :: k in b ==> r[k] == b[k]
    ensures forall k :: k in a && k !in b ==> r[k] == a[k]
  {
    a + b
  }

  /** Spreading the same record again changes nothing. */
  lemma MergeIdempotent(a: Record, b: Record)
    ensures Merge(Merge(a, b), b) == Merge(a, b)
  {
  }

  /** Spreads compose: `{...{...a, ...b}, ...c}` is `{...a, ...{...b, ...c}}`. */
  lemma MergeAssociative(a: Record, b: Record, c: Record)
    ensures Merge(Merge(a, b), c) == Merge(a, Merge(b, c))
  {
  }

  /** Spreading an empty object on either side leaves the record as it is. */
  lemma MergeEmpty(a: Record)
    ensures Merge(map[], a) == a && Merge(a, map[]) == a
  {
  }
}
