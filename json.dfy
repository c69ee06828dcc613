/**
 * The JSON values the annotator receives, as Python's `json.loads` hands them
 * over, and the handful of Python operations the core applies to them:
 * subscripting by a key, iteration in a `for` loop, truth testing.
 */
module Json {
  import opened Wrappers

  /** An object keeps its members in document order, duplicates included. */
  datatype Json =
    | JNull
    | JBool(b: bool)
    | JNum(n: int)
    | JStr(s: string)
    | JArr(items: seq<Json>)
    | JObj(members: seq<(string, Json)>)

  /** The Python exceptions the modelled code can raise. */
  datatype PyError =
    | KeyError(key: string)
    | TypeError(reason: string)
    | IndexError(index: nat)
    | AttributeError(name: string)
    | NotModelled(what: string)

  /** The value of the last member named `key`: `json.loads` keeps the last duplicate. */
  function Lookup(members: seq<(string, Json)>, key: string): (r: Option<Json>)
    ensures r.None? <==> forall i :: 0 <= i < |members| ==> members[i].0 != key
    ensures r.Some? ==> (key, r.value) in members
    ensures r.Some? ==> exists i :: 0 <= i < |members| && members[i] == (key, r.value) &&
                          forall j :: i < j < |members| ==> members[j].0 != key
  {
    if members == [] then None
    else if members[|members| - 1].0 == key then Some(members[|members| - 1].1)
    else Lookup(members[..|members| - 1], key)
  }

  /** `j[key]` for a string key. */
  function Member(j: Json, key: string): Result<Json, PyError> {
    match j
    case JObj(ms) =>
      (match Lookup(ms, key)
       case Some(v) => Success(v)
       case None => Failure(KeyError(key)))
    case _ => Failure(TypeError("value is not subscriptable by a string"))
  }

  /** `j[path[0]][path[1]]...`, failing at the first key that cannot be applied. */
  function At(j: Json, path: seq<string>): Result<Json, PyError>
    decreases |path|
  {
    if path == [] then Success(j)
    else
      var v :- Member(j, path[0]);
      At(v, path[1..])
  }

  /** The distinct member names in order of first occurrence, which is the order a dict iterates in. */
  function Keys(members: seq<(string, Json)>): seq<string> {
    if members == [] then []
    else
      var ks := Keys(members[..|members| - 1]);
      var k := members[|members| - 1].0;
      if k in ks then ks else ks + [k]
  }

  /** What `for x in j` visits: list items, dict keys, or one-character strings. */
  function Elements(j: Json): Result<seq<Json>, PyError> {
    match j
    case JArr(items) => Success(items)
    case JObj(ms) =>
      var ks := Keys(ms);
      Success(seq(|ks|, i requires 0 <= i < |ks| => JStr(ks[i])))
    case JStr(s) => Success(seq(|s|, i requires 0 <= i < |s| => JStr([s[i]])))
    case _ => Failure(TypeError("value is not iterable"))
  }

  /** `len(j)`: defined on exactly the values a `for` loop can visit, and counts what it visits. */
  function Len(j: Json): (r: Result<nat, PyError>)
    ensures r.Success? <==> Elements(j).Success?
    ensures r.Success? ==> r.value == |Elements(j).value|
  {
    match j
    case JArr(items) => Success(|items|)
    case JObj(ms) => Success(|Keys(ms)|)
    case JStr(s) => Success(|s|)
    case _ => Failure(TypeError("object has no len()"))
  }

  /** Python truth testing of a JSON value. */
  predicate Truthy(j: Json) {
    match j
    case JNull => false
    case JBool(b) => b
    case JNum(n) => n != 0
    case JStr(s) => s != []
    case JArr(items) => items != []
    case JObj(ms) => ms != []
  }

  /**
   * A value used as a URL path. Anything but a string raises `TypeError`
   * where the path is concatenated into the log message before the request.
   */
  function AsPath(j: Json): Result<string, PyError> {
    if j.JStr? then Success(j.s) else Failure(TypeError("URL path is not a string"))
  }
}
