/** MongoDB documents as the service handles them: field maps over JSON-like
    values, Python truthiness, the `_id` to `id` projection every listing
    applies, and ObjectId text validation. */
module Documents {
  import opened Common

  datatype Json =
    | JNull
    | JBool(b: bool)
    | JInt(i: int)
    | JReal(r: real)
    | JStr(s: string)
    | JOid(hex: string)
    | JList(items: seq<Json>)
    | JDoc(fields: map<string, Json>)

  type Doc = map<string, Json>

  /** Python truthiness: `None`, `False`, zero, and empty strings, lists and
      dicts are false; an ObjectId is always true. */
  predicate Truthy(v: Json) {
    match v
    case JNull => false
    case JBool(b) => b
    case JInt(i) => i != 0
    case JReal(r) => r != 0.0
    case JStr(s) => s != ""
    case JOid(_) => true
    case JList(items) => items != []
    case JDoc(fields) => fields != map[]
  }

  /** `d.get(key, default)`. */
  function Get(d: Doc, key: string, default: Json): (v: Json)
    ensures key in d ==> v == d[key]
    ensures key !in d ==> v == default
  {
    if key in d then d[key] else default
  }

  /** A field Python can lower-case after `d.get(key, "")`: absent, or text.
      `.lower()` on any other value (`None` included) raises. */
  predicate TextOrAbsent(d: Doc, key: string) {
    key !in d || d[key].JStr?
  }

  /** `d.get(key, "")` for a field that is absent or text; callers that read
      other values check `TextOrAbsent` first, and the "" given to them here
      is never observed. */
  function FieldText(d: Doc, key: string): string {
    if key in d && d[key].JStr? then d[key].s else ""
  }

  /** `str(v)` for a document id. */
  function IdText(v: Json): string {
    match v
    case JOid(hex) => hex
    case JStr(s) => s
    case _ => ""
  }

  /** A stored document always carries its `_id`. */
  predicate Stored(d: Doc) {
    "_id" in d
  }

  /** `d["id"] = str(d.pop("_id"))`: the id moves to `id` as text, and every
      other field stays as it was. */
  function Exposed(d: Doc): (r: Doc)
    requires Stored(d)
    ensures "id" in r && r["id"] == JStr(IdText(d["_id"]))
    ensures "_id" !in r
    ensures forall k :: k in r <==> k == "id" || (k in d && k != "_id")
    ensures forall k :: k in d && k != "_id" && k != "id" ==> r[k] == d[k]
  {
    (d - {"_id"})["id" := JStr(IdText(d["_id"]))]
  }

  predicate IsHexDigit(c: char) {
    '0' <= c <= '9' || 'a' <= c <= 'f' || 'A' <= c <= 'F'
  }

  /** `ObjectId.is_valid` on a text: exactly 24 hexadecimal digits. */
  predicate IsValidObjectId(s: string) {
    |s| == 24 && forall i :: 0 <= i < |s| ==> IsHexDigit(s[i])
  }

  /** `find_one({"_id": ObjectId(id)})`: the first document with that id. An
      ObjectId compares as its lower-case hexadecimal text, whatever the case
      of the text it was made from. */
  function FindById(docs: seq<Doc>, id: string): (r: Option<Doc>)
    ensures r.Some? ==> r.value in docs && "_id" in r.value && r.value["_id"] == JOid(Lower(id))
    ensures r.None? ==> forall d :: d in docs ==> !("_id" in d && d["_id"] == JOid(Lower(id)))
  {
    if docs == [] then None
    else if "_id" in docs[0] && docs[0]["_id"] == JOid(Lower(id)) then Some(docs[0])
    else FindById(docs[1..], id)
  }
}
