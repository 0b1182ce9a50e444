/**
 * Python's JSON values as `json.loads` produces them and `json.dumps` consumes them.
 * Objects are ordered (Python dicts keep insertion order); numbers are integers.
 * The codec itself (`json.loads` / `json.dumps`) is a pair of functions supplied by
 * the caller; `Lawful` states the round-trip the rest of the model relies on.
 */
module JsonModel {
  import opened Wrappers
  import opened OrderedDict

  datatype Json =
    | JNull
    | JBool(b: bool)
    | JNum(n: int)
    | JStr(s: string)
    | JArray(elems: seq<Json>)
    | JObject(members: seq<(string, Json)>)

  /** A value Python can actually hold: every dict, at every depth, has unique keys. */
  predicate WellFormed(j: Json) {
    match j
    case JArray(es) => forall i :: 0 <= i < |es| ==> WellFormed(es[i])
    case JObject(ms) => UniqueKeys(ms) && forall i :: 0 <= i < |ms| ==> WellFormed(ms[i].1)
    case _ => true
  }

  /** Python truthiness: `None`, `False`, `0`, `""`, `[]` and `{}` are false. */
  predicate Truthy(j: Json) {
    match j
    case JNull => false
    case JBool(b) => b
    case JNum(n) => n != 0
    case JStr(s) => s != ""
    case JArray(es) => es != []
    case JObject(ms) => ms != []
  }

  /**
   * `json.loads` and `json.dumps` as the caller supplies them. `parse` returns
   * `None` where `json.loads` raises `JSONDecodeError`.
   */
  datatype Codec = Codec(parse: string -> Option<Json>, dumps: Json -> string)

  /**
   * What the Python library guarantees: `loads(dumps(x)) == x` for every value
   * Python can hold, `loads` yields only such values, and `dumps([])` is `"[]"`.
   */
  ghost predicate Lawful(c: Codec) {
    && (forall j :: WellFormed(j) ==> c.parse(c.dumps(j)) == Some(j))
    && (forall s :: c.parse(s).Some? ==> WellFormed(c.parse(s).value))
    && c.dumps(JArray([])) == "[]"
  }

  /** Under a lawful codec the empty-array text decodes to the empty array. */
  lemma EmptyArrayDecodes(c: Codec)
    requires Lawful(c)
    ensures c.parse("[]") == Some(JArray([]))
  {
    assert WellFormed(JArray([]));
  }
}
