/**
 * The values `json.loads` produces and the few Python operations the
 * renderers apply to them: truth value, `dict.get`, `for` iteration and
 * `str()`.
 */
module Json {
  import opened Base

  /**
   * A parsed JSON document. An object is its list of (key, value) pairs in
   * document order, which is also the order in which Python iterates it.
   */
  datatype Json =
    | JNull
    | JBool(b: bool)
    | JNum(n: int)
    | JStr(s: string)
    | JArr(items: seq<Json>)
    | JObj(fields: seq<(string, Json)>)

  /** Python's `bool(v)`. */
  predicate Truthy(v: Json) {
    match v
    case JNull => false
    case JBool(b) => b
    case JNum(n) => n != 0
    case JStr(s) => s != ""
    case JArr(xs) => xs != []
    case JObj(fs) => fs != []
  }

  /** `d.get(key)` on the fields of a dict: the value stored under `key`, if any. */
  function Lookup(fields: seq<(string, Json)>, key: string): Option<Json> {
    if fields == [] then None
    else if fields[0].0 == key then Some(fields[0].1)
    else Lookup(fields[1..], key)
  }

  /** `d.get(key, default)` */
  function GetOr(fields: seq<(string, Json)>, key: string, default: Json): Json {
    match Lookup(fields, key)
    case Some(v) => v
    case None => default
  }

  /** The keys of a dict, as the strings a `for` loop over it visits. */
  function Keys(fields: seq<(string, Json)>): (ks: seq<Json>)
    ensures |ks| == |fields|
    ensures forall i :: 0 <= i < |fields| ==> ks[i] == JStr(fields[i].0)
  {
    seq(|fields|, i requires 0 <= i < |fields| => JStr(fields[i].0))
  }

  /** The one-character strings a `for` loop over a string visits. */
  function Chars(s: string): (cs: seq<Json>)
    ensures |cs| == |s|
    ensures forall i :: 0 <= i < |s| ==> cs[i] == JStr([s[i]])
  {
    seq(|s|, i requires 0 <= i < |s| => JStr([s[i]]))
  }

  /**
   * What `for item in v` visits: the items of a list, the characters of a
   * string, the keys of a dict; any other value raises TypeError.
   */
  function Elements(v: Json): Result<seq<Json>> {
    match v
    case JArr(xs) => Ok(xs)
    case JStr(s) => Ok(Chars(s))
    case JObj(fs) => Ok(Keys(fs))
    case _ => Err(TypeError)
  }

  /**
   * `str(v)`: a string is itself; the text Python prints for any other value
   * is supplied by `show`.
   */
  function Str(v: Json, show: Json -> string): string {
    if v.JStr? then v.s else show(v)
  }
}
