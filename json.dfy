/**
 * JSON values as both sides of the wire see them after parsing, with the
 * two languages' truthiness rules and property access. Parsing and
 * serialising themselves are not modelled: they are passed in as functions
 * wherever the source calls `JSON.parse`, `json.loads` or `json.dumps`.
 */
module Json {
  import opened Wrappers

  /** An object keeps its members in insertion order, as Python dicts and JavaScript objects do. */
  datatype Json =
    | JNull
    | JBool(b: bool)
    | JNum(n: real)
    | JStr(s: string)
    | JArr(items: seq<Json>)
    | JObj(fields: seq<(string, Json)>)

  /** A record's fields by name, where order does not matter. */
  type Fields = map<string, Json>

  /** The value stored under `key`; on a repeated key the last one wins, as in both parsers. */
  function Lookup(fields: seq<(string, Json)>, key: string): (r: Option<Json>)
    ensures r.None? <==> forall k :: 0 <= k < |fields| ==> fields[k].0 != key
  {
    if fields == [] then None
    else if fields[|fields| - 1].0 == key then Some(fields[|fields| - 1].1)
    else Lookup(fields[..|fields| - 1], key)
  }

  /** Python `key in d`. */
  predicate HasKey(fields: seq<(string, Json)>, key: string) {
    exists k :: 0 <= k < |fields| && fields[k].0 == key
  }

  /** JavaScript `v.key` on a parsed value that is not null: `None` stands for `undefined`. */
  function JsGet(v: Json, key: string): Option<Json>
    requires !v.JNull?
  {
    if v.JObj? then Lookup(v.fields, key) else None
  }

  /** JavaScript truthiness of a property value (`undefined` is falsy). */
  predicate JsTruthy(v: Option<Json>) {
    match v
    case None => false
    case Some(JNull) => false
    case Some(JBool(b)) => b
    case Some(JNum(n)) => n != 0.0
    case Some(JStr(s)) => s != ""
    case Some(_) => true
  }

  /** Python truthiness (`bool(v)`); empty containers are falsy. */
  predicate PyTruthy(v: Json) {
    match v
    case JNull => false
    case JBool(b) => b
    case JNum(n) => n != 0.0
    case JStr(s) => s != ""
    case JArr(items) => items != []
    case JObj(fields) => fields != []
  }
}
