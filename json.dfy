/**
 * The JSON values the add-on exchanges with the MCP-Link server, together with
 * the Python operations the code applies to them once `json.loads` has turned
 * them into dicts, lists and scalars: truthiness, `key in value`, `d.get(k, default)`.
 * An object is kept as its list of members in text order; like a Python dict
 * built by `json.loads`, a repeated key takes the value of its last occurrence.
 */
module Json {
  import opened Wrappers
  import opened Text

  datatype Json =
    | JNull
    | JBool(b: bool)
    | JNum(n: int)
    | JStr(s: string)
    | JArr(items: seq<Json>)
    | JObj(fields: seq<(string, Json)>)

  /** Python's `bool(v)` for a decoded JSON value. */
  predicate Truthy(j: Json) {
    match j
    case JNull => false
    case JBool(b) => b
    case JNum(n) => n != 0
    case JStr(s) => s != ""
    case JArr(items) => items != []
    case JObj(fields) => fields != []
  }

  /** Values usable as dict keys in Python (lists and dicts are not). */
  predicate Hashable(j: Json) {
    !j.JArr? && !j.JObj?
  }

  predicate HasKey(fields: seq<(string, Json)>, key: string) {
    exists i :: 0 <= i < |fields| && fields[i].0 == key
  }

  /** `d[key]` on a decoded object: the value of the last member named `key`. */
  function Lookup(fields: seq<(string, Json)>, key: string): (r: Option<Json>)
    ensures r.Some? <==> HasKey(fields, key)
    ensures r.Some? ==> exists i :: 0 <= i < |fields| && fields[i] == (key, r.value)
    ensures r.Some? ==> fields[|fields| - 1].0 == key || r == Lookup(fields[..|fields| - 1], key)
  {
    if |fields| == 0 then None
    else if fields[|fields| - 1].0 == key then Some(fields[|fields| - 1].1)
    else
      var r := Lookup(fields[..|fields| - 1], key);
      assert forall i :: 0 <= i < |fields| - 1 ==> fields[..|fields| - 1][i] == fields[i];
      r
  }

  /** A member added at the end decides the lookup of its own key and of no other. */
  lemma LookupAppend(fields: seq<(string, Json)>, key: string, k: string, v: Json)
    ensures Lookup(fields + [(k, v)], key) == if k == key then Some(v) else Lookup(fields, key)
  {
    assert (fields + [(k, v)])[..|fields|] == fields;
  }

  /** Lookup in an object with a single member. */
  lemma LookupSingle(k: string, v: Json, key: string)
    ensures Lookup([(k, v)], key) == if key == k then Some(v) else None
  {
    assert [(k, v)][..0] == [];
  }

  /** Lookup in an object with two members. */
  lemma LookupPair(k1: string, v1: Json, k2: string, v2: Json, key: string)
    ensures Lookup([(k1, v1), (k2, v2)], key)
            == if key == k2 then Some(v2) else if key == k1 then Some(v1) else None
  {
    LookupSingle(k1, v1, key);
    assert [(k1, v1), (k2, v2)][..1] == [(k1, v1)];
  }

  /** `d.get(key, default)` on a decoded object. */
  function Get(fields: seq<(string, Json)>, key: string, default: Json): (r: Json)
    ensures HasKey(fields, key) ==> Some(r) == Lookup(fields, key)
    ensures !HasKey(fields, key) ==> r == default
  {
    Lookup(fields, key).GetOr(default)
  }

  /**
   * Python's `key in v`: a member test on a dict, an element test on a list and
   * a substring test on a string; on a number, a boolean or None it raises
   * TypeError, which is `None` here.
   */
  function In(key: string, v: Json): (r: Option<bool>)
    ensures r.None? <==> (v.JNull? || v.JBool? || v.JNum?)
    ensures v.JObj? ==> r == Some(HasKey(v.fields, key))
  {
    match v
    case JStr(s) => Some(IsSubstring(key, s))
    case JArr(items) => Some(JStr(key) in items)
    case JObj(fields) => Some(Lookup(fields, key).Some?)
    case _ => None
  }

  /** The MCP tool-result envelope `{"content": [{"type": "text", "text": …}], "isError": …}`. */
  function ToolResult(text: string, isError: bool): (r: Json)
    ensures r.JObj?
    ensures Lookup(r.fields, "isError") == Some(JBool(isError))
    ensures ResultText(r) == Some(text)
  {
    JObj([("content", JArr([JObj([("type", JStr("text")), ("text", JStr(text))])])),
          ("isError", JBool(isError))])
  }

  /** The text of the first content item of a tool-result envelope, when it has one. */
  function ResultText(r: Json): Option<string> {
    if !r.JObj? then None
    else match Lookup(r.fields, "content")
      case Some(JArr(items)) =>
        if items != [] && items[0].JObj? then
          match Lookup(items[0].fields, "text")
          case Some(JStr(t)) => Some(t)
          case _ => None
        else None
      case _ => None
  }

  /** The envelope is an error envelope (`"isError": true`). */
  predicate IsError(r: Json) {
    r.JObj? && Lookup(r.fields, "isError") == Some(JBool(true))
  }

  /** A JSON-RPC 2.0 request object (section 4 of the JSON-RPC 2.0 Specification). */
  function RpcRequest(id: Json, rpcMethod: string, params: Json): (r: Json)
    ensures r.JObj?
    ensures Lookup(r.fields, "jsonrpc") == Some(JStr("2.0"))
    ensures Lookup(r.fields, "id") == Some(id)
    ensures Lookup(r.fields, "method") == Some(JStr(rpcMethod))
    ensures Lookup(r.fields, "params") == Some(params)
  {
    var fields := [("jsonrpc", JStr("2.0")), ("id", id), ("method", JStr(rpcMethod)), ("params", params)];
    LookupPair("jsonrpc", JStr("2.0"), "id", id, "jsonrpc");
    LookupPair("jsonrpc", JStr("2.0"), "id", id, "id");
    assert fields[..2] + [fields[2]] == fields[..3];
    assert fields[..3] + [fields[3]] == fields;
    LookupAppend(fields[..2], "jsonrpc", "method", JStr(rpcMethod));
    LookupAppend(fields[..2], "id", "method", JStr(rpcMethod));
    LookupAppend(fields[..2], "method", "method", JStr(rpcMethod));
    LookupAppend(fields[..3], "jsonrpc", "params", params);
    LookupAppend(fields[..3], "id", "params", params);
    LookupAppend(fields[..3], "method", "params", params);
    LookupAppend(fields[..3], "params", "params", params);
    JObj(fields)
  }

  /** What a Python handler call gives back: its value, or the exception it raised and its traceback. */
  datatype Outcome = Returned(value: Json) | Raised(message: string, trace: string)
}
