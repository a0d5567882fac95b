/**
 * The `serialize` helper of the contact-listing handler: it turns a stored
 * document into one that JSON can carry, by writing `_id` as its string
 * form and every date-like value as its ISO 8601 text.
 */
module DocumentSerializer {

  /** A top-level value of a stored document, as far as `serialize` can tell them apart. */
  datatype Value =
    | ObjectId(hex: string)                 // the store's identifier; `str()` is its hex text
    | Temporal(iso: string, text: string)   // datetime, date or time: has `isoformat()`; `str()` is `text`
    | Text(s: string)                       // a string; `str()` is itself
    | Other(text: string)                   // numbers, booleans, None, lists, nested documents

  type Document = map<string, Value>

  const IdKey := "_id"

  /** Python's `str(v)`. */
  function StrOf(v: Value): string {
    match v
    case ObjectId(hex) => hex
    case Temporal(_, text) => text
    case Text(s) => s
    case Other(text) => text
  }

  /** The values `hasattr(v, "isoformat")` holds of. */
  predicate HasIsoFormat(v: Value) {
    v.Temporal?
  }

  /** A value JSON can carry as it is. */
  predicate JsonReady(v: Value) {
    !v.ObjectId? && !v.Temporal?
  }

  /**
   * The value `serialize` leaves under `key`: `_id` is replaced by its string
   * form first (so an `_id` that is a datetime becomes its `str()`, not its ISO
   * text); any other date-like value becomes its ISO text; the rest is kept.
   */
  function SerializedValue(key: string, v: Value): Value {
    if key == IdKey then Text(StrOf(v))
    else if HasIsoFormat(v) then Text(v.iso)
    else v
  }

  /**
   * `serialize` as written: copy the document, stringify `_id`, then walk a
   * snapshot of the items and replace each date-like value by its ISO text.
   */
  method Serialize(doc: Document) returns (d: Document)
    ensures d.Keys == doc.Keys
    ensures IdKey in doc ==> d[IdKey] == Text(StrOf(doc[IdKey]))
    ensures forall k | k in doc && k != IdKey && HasIsoFormat(doc[k]) :: d[k] == Text(doc[k].iso)
    ensures forall k | k in doc && k != IdKey && !HasIsoFormat(doc[k]) :: d[k] == doc[k]
  {
    d := doc;
    if IdKey in d {
      d := d[IdKey := Text(StrOf(d[IdKey]))];
    }
    var items := d;
    var pending := items.Keys;
    while pending != {}
      invariant pending <= items.Keys
      invariant d.Keys == items.Keys
      invariant forall k | k in items && k in pending :: d[k] == items[k]
      invariant forall k | k in items && k !in pending ::
        d[k] == (if HasIsoFormat(items[k]) then Text(items[k].iso) else items[k])
      decreases pending
    {
      var k :| k in pending;
      var v := items[k];
      if HasIsoFormat(v) {
        d := d[k := Text(v.iso)];
      }
      pending := pending - {k};
    }
  }

  /** The listing handler's `[serialize(x) for x in docs]`. */
  method SerializeAll(docs: seq<Document>) returns (items: seq<Document>)
    ensures |items| == |docs|
    ensures forall i | 0 <= i < |docs| :: items[i].Keys == docs[i].Keys
    ensures forall i, k | 0 <= i < |docs| && k in docs[i] :: items[i][k] == SerializedValue(k, docs[i][k])
  {
    items := [];
    for n := 0 to |docs|
      invariant |items| == n
      invariant forall i | 0 <= i < n :: items[i].Keys == docs[i].Keys
      invariant forall i, k | 0 <= i < n && k in docs[i] :: items[i][k] == SerializedValue(k, docs[i][k])
    {
      var d := Serialize(docs[n]);
      items := items + [d];
    }
  }

  /** No value left by `serialize` has an ISO form, and `_id` is always text. */
  lemma SerializedHasNoDates(key: string, v: Value)
    ensures !HasIsoFormat(SerializedValue(key, v))
    ensures key == IdKey ==> SerializedValue(key, v).Text?
  {
  }

  /** A serialised document is JSON-ready wherever the input held an identifier or a date. */
  lemma SerializedIsJsonReady(key: string, v: Value)
    requires JsonReady(v) || key == IdKey || HasIsoFormat(v)
    ensures JsonReady(SerializedValue(key, v))
    ensures key == IdKey || HasIsoFormat(v) ==> SerializedValue(key, v).Text?
  {
  }

  /** Serialising twice changes nothing more than serialising once. */
  lemma SerializeIdempotent(key: string, v: Value)
    ensures SerializedValue(key, SerializedValue(key, v)) == SerializedValue(key, v)
  {
  }
}
