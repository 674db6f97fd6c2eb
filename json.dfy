/** Records as the services hold them: JSON objects seeded from the mock data
    files. A record is a map from key to value; the object spread
    `{ ...a, ...b }` is map union in which `b` wins on shared keys. */
module Json {

  /** A JSON value. Every JavaScript number is a `Num`; money and identifiers alike. */
  datatype Value =
    | Null
    | Bool(b: bool)
    | Num(x: real)
    | Str(s: string)
    | Arr(items: seq<Value>)
    | Obj(fields: map<string, Value>)

  type Record = map<string, Value>

  /** `{ ...a, ...b }`: every key of either object, with `b`'s value where both have it. */
  function Spread(a: Record, b: Record): (r: Record)
    ensures r.Keys == a.Keys + b.Keys
    ensures forall k :: k in b ==> r[k] == b[k]
    ensures forall k :: k in a && k !in b ==> r[k] == a[k]
  {
    a + b
  }

  /** Spreading the same object a second time changes nothing. */
  lemma SpreadIdempotent(a: Record, b: Record)
    ensures Spread(Spread(a, b), b) == Spread(a, b)
  {
  }

  /** The fields of `v` when it is an object, and none otherwise: spreading
      `undefined` or `null` contributes no key. */
  function FieldsOf(v: Value): Record
  {
    if v.Obj? then v.fields else map[]
  }
}
