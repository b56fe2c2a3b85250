/**
 * The remote document store as the application uses it: a collection is a
 * map from document id to document, a document a map from field name to
 * value, and `set(fields, merge)` is the one write operation.
 */
module Firestore {
  import opened Wrappers

  /** The field values the application stores: strings and integers. */
  datatype Value = Str(s: string) | Int(i: int)

  /** What a write puts into one field: a plain value, or the server-side
      transform `firestore.Increment(delta)`. */
  datatype FieldWrite = Put(value: Value) | Increment(delta: int)

  type Doc = map<string, Value>
  type Collection = map<string, Doc>
  type Payload = map<string, FieldWrite>

  /** `dict.get(field)` on a document's fields. */
  function Get(d: Doc, field: string): (r: Option<Value>)
    ensures r.Some? <==> field in d
    ensures r.Some? ==> r.value == d[field]
  {
    if field in d then Some(d[field]) else None
  }

  /** A payload made of plain values only, with no transform in it. */
  predicate PlainPayload(p: Payload)
  {
    forall f :: f in p ==> p[f].Put?
  }

  /** The value a field takes when `w` is applied over the fields `base`.
      An increment of a missing or non-integer field yields the delta itself. */
  function Apply(base: Doc, field: string, w: FieldWrite): Value
  {
    match w
    case Put(v) => v
    case Increment(n) =>
      if field in base && base[field].Int? then Int(base[field].i + n) else Int(n)
  }

  /** `document(id).set(payload, merge=merge)` on the collection `c`.
      With merge the payload is upserted field by field into the existing
      document; without it the document is replaced by the payload. */
  function SetDoc(c: Collection, id: string, payload: Payload, merge: bool): (r: Collection)
    ensures r.Keys == c.Keys + {id}
    ensures forall other :: other in c && other != id ==> r[other] == c[other]
    ensures r[id].Keys == payload.Keys + (if merge && id in c then c[id].Keys else {})
    ensures forall f :: f in payload && payload[f].Put? ==> r[id][f] == payload[f].value
    ensures merge && id in c ==> forall f :: f in c[id] && f !in payload ==> r[id][f] == c[id][f]
  {
    var base := if merge && id in c then c[id] else map[];
    c[id := base + map f | f in payload :: Apply(base, f, payload[f])]
  }

  /** A merge-write of plain values is idempotent: writing the same payload
      twice leaves the collection as writing it once. */
  lemma MergeIdempotent(c: Collection, id: string, p: Payload)
    requires PlainPayload(p)
    ensures SetDoc(SetDoc(c, id, p, true), id, p, true) == SetDoc(c, id, p, true)
  {
    var once := SetDoc(c, id, p, true);
    var twice := SetDoc(once, id, p, true);
    assert twice[id] == once[id];
  }

  /** A merge-write of `{field: Increment(n)}` adds `n` to an integer field
      and counts a missing or non-integer one as 0, leaving every other
      field of the document alone. */
  lemma IncrementMerge(c: Collection, id: string, field: string, n: int)
    ensures var r := SetDoc(c, id, map[field := Increment(n)], true);
      && field in r[id] && r[id][field].Int?
      && r[id][field].i == n + (if id in c && field in c[id] && c[id][field].Int? then c[id][field].i else 0)
      && (forall f :: f != field ==> (f in r[id] <==> id in c && f in c[id]))
      && (forall f :: f != field && f in r[id] ==> r[id][f] == c[id][f])
  {
  }
}
